/**
 * The InfluxDB publisher's mutable configuration record and its retention policy, with the
 * declared defaults and the policy block that starts from a fresh default.
 */
module InfluxDbConfig {

  /** A Kotlin `Int`. */
  newtype Int32 = x: int | -0x8000_0000 <= x < 0x8000_0000

  /** The retention policy's settings as a value. */
  datatype RetentionPolicy = RetentionPolicy(
    name: string,
    duration: string,
    shardDuration: string,
    replicationFactor: Int32,
    isDefault: bool)

  const DefaultRetentionPolicy := RetentionPolicy("rpTalaiot", "30d", "30m", 2, false)

  /** One assignment a configuration block makes to the policy it is applied to. */
  datatype PolicyEdit =
    | SetName(name: string)
    | SetDuration(duration: string)
    | SetShardDuration(shardDuration: string)
    | SetReplicationFactor(replicationFactor: Int32)
    | SetIsDefault(isDefault: bool)

  /** The policy after one assignment: that field takes the new value, the others stay. */
  function Edited(p: RetentionPolicy, e: PolicyEdit): RetentionPolicy {
    match e
    case SetName(v) => p.(name := v)
    case SetDuration(v) => p.(duration := v)
    case SetShardDuration(v) => p.(shardDuration := v)
    case SetReplicationFactor(v) => p.(replicationFactor := v)
    case SetIsDefault(v) => p.(isDefault := v)
  }

  /** The policy after a block's assignments, in order. */
  function EditedAll(p: RetentionPolicy, block: seq<PolicyEdit>): RetentionPolicy {
    if block == [] then p else Edited(EditedAll(p, block[..|block| - 1]), block[|block| - 1])
  }

  /** The name a block leaves: that of its last `name` assignment, or the one it started from. */
  function LastName(block: seq<PolicyEdit>, start: string): string {
    if block == [] then start
    else if block[|block| - 1].SetName? then block[|block| - 1].name
    else LastName(block[..|block| - 1], start)
  }

  /** The duration a block leaves, likewise. */
  function LastDuration(block: seq<PolicyEdit>, start: string): string {
    if block == [] then start
    else if block[|block| - 1].SetDuration? then block[|block| - 1].duration
    else LastDuration(block[..|block| - 1], start)
  }

  /** The shard duration a block leaves, likewise. */
  function LastShardDuration(block: seq<PolicyEdit>, start: string): string {
    if block == [] then start
    else if block[|block| - 1].SetShardDuration? then block[|block| - 1].shardDuration
    else LastShardDuration(block[..|block| - 1], start)
  }

  /** The replication factor a block leaves, likewise. */
  function LastReplicationFactor(block: seq<PolicyEdit>, start: Int32): Int32 {
    if block == [] then start
    else if block[|block| - 1].SetReplicationFactor? then block[|block| - 1].replicationFactor
    else LastReplicationFactor(block[..|block| - 1], start)
  }

  /** Whether a block leaves the policy the default one, likewise. */
  function LastIsDefault(block: seq<PolicyEdit>, start: bool): bool {
    if block == [] then start
    else if block[|block| - 1].SetIsDefault? then block[|block| - 1].isDefault
    else LastIsDefault(block[..|block| - 1], start)
  }

  /**
   * Within a block the last assignment to a field wins, and a field the block never assigns
   * keeps the value the block started from.
   */
  lemma {:induction false} BlockLastAssignmentWins(p: RetentionPolicy, block: seq<PolicyEdit>)
    ensures EditedAll(p, block).name == LastName(block, p.name)
    ensures EditedAll(p, block).duration == LastDuration(block, p.duration)
    ensures EditedAll(p, block).shardDuration == LastShardDuration(block, p.shardDuration)
    ensures EditedAll(p, block).replicationFactor == LastReplicationFactor(block, p.replicationFactor)
    ensures EditedAll(p, block).isDefault == LastIsDefault(block, p.isDefault)
    ensures (forall i :: 0 <= i < |block| ==> !block[i].SetDuration?) ==> EditedAll(p, block).duration == p.duration
    ensures (forall i :: 0 <= i < |block| ==> !block[i].SetShardDuration?) ==> EditedAll(p, block).shardDuration == p.shardDuration
    ensures (forall i :: 0 <= i < |block| ==> !block[i].SetIsDefault?) ==> EditedAll(p, block).isDefault == p.isDefault
  {
    if block != [] {
      var init := block[..|block| - 1];
      assert forall i :: 0 <= i < |init| ==> init[i] == block[i];
      BlockLastAssignmentWins(p, init);
    }
  }

  /** The mutable `RetentionPolicyConfiguration` data class. */
  class RetentionPolicyConfiguration {
    var name: string
    var duration: string
    var shardDuration: string
    var replicationFactor: Int32
    var isDefault: bool

    function Value(): RetentionPolicy
      reads this
    {
      RetentionPolicy(name, duration, shardDuration, replicationFactor, isDefault)
    }

    /** A fresh policy: `rpTalaiot`, 30 days, 30-minute shards, replication 2, not the default policy. */
    constructor ()
      ensures Value() == DefaultRetentionPolicy
      ensures name == "rpTalaiot" && duration == "30d" && shardDuration == "30m"
      ensures replicationFactor == 2 && !isDefault
    {
      name := "rpTalaiot";
      duration := "30d";
      shardDuration := "30m";
      replicationFactor := 2;
      isDefault := false;
    }

    /** One assignment of a configuration block. */
    method Apply(e: PolicyEdit)
      modifies this
      ensures Value() == Edited(old(Value()), e)
    {
      match e
      case SetName(v) => name := v;
      case SetDuration(v) => duration := v;
      case SetShardDuration(v) => shardDuration := v;
      case SetReplicationFactor(v) => replicationFactor := v;
      case SetIsDefault(v) => isDefault := v;
    }
  }

  /** The InfluxDB publisher's settings; every field is a mutable property with a default. */
  class InfluxDbPublisherConfiguration {
    var name: string
    var dbName: string
    var url: string
    var taskMetricName: string
    var buildMetricName: string
    var username: string
    var password: string
    var retentionPolicyConfiguration: RetentionPolicyConfiguration
    var publishOnlyBuildMetrics: bool

    /** A fresh configuration with the declared defaults. */
    constructor ()
      ensures name == "influxDb" && dbName == "" && url == ""
      ensures taskMetricName == "task" && buildMetricName == "build"
      ensures username == "" && password == "" && !publishOnlyBuildMetrics
      ensures fresh(retentionPolicyConfiguration)
      ensures retentionPolicyConfiguration.Value() == DefaultRetentionPolicy
    {
      name := "influxDb";
      dbName := "";
      url := "";
      taskMetricName := "task";
      buildMetricName := "build";
      username := "";
      password := "";
      retentionPolicyConfiguration := new RetentionPolicyConfiguration();
      publishOnlyBuildMetrics := false;
    }

    /**
     * `retentionPolicyConfiguration { ... }`: replaces the policy with a fresh default and
     * applies the block to it, so earlier customisations of the policy are discarded.
     * No other setting changes, and the previous policy object is left as it was.
     */
    method ConfigureRetentionPolicy(block: seq<PolicyEdit>)
      modifies this`retentionPolicyConfiguration
      ensures fresh(retentionPolicyConfiguration)
      ensures retentionPolicyConfiguration.Value() == EditedAll(DefaultRetentionPolicy, block)
      ensures name == old(name) && dbName == old(dbName) && url == old(url)
      ensures taskMetricName == old(taskMetricName) && buildMetricName == old(buildMetricName)
      ensures username == old(username) && password == old(password)
      ensures publishOnlyBuildMetrics == old(publishOnlyBuildMetrics)
      ensures old(retentionPolicyConfiguration).Value() == old(retentionPolicyConfiguration.Value())
    {
      var policy := new RetentionPolicyConfiguration();
      var i := 0;
      while i < |block|
        invariant 0 <= i <= |block|
        invariant fresh(policy)
        invariant policy.Value() == EditedAll(DefaultRetentionPolicy, block[..i])
        modifies policy
      {
        assert block[..i + 1][..i] == block[..i];
        policy.Apply(block[i]);
        i := i + 1;
      }
      assert block[..i] == block;
      retentionPolicyConfiguration := policy;
    }
  }
}
